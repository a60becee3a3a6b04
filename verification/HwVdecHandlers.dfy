/** What the handlers of the hardware video decoder promise one by one and one after the other: which pictures
    are taken, how drains start, what a change of format and a flush make of the blocks, and which works are
    reported without a picture. */
module HwVdecHandlers {
  import opened Options
  import opened HwVdec
  import opened HwVdecConservation
  import opened HwVdecBlocks
  import opened HwVdecRecycling

  // ---------- pictures that arrive ----------

  function RememberAll(sent: seq<int>, ids: seq<int>): seq<int>
    decreases |ids|
  {
    if ids == [] then sent else RememberAll(Remember(sent, ids[0]), ids[1..])
  }

  function Reversed(ids: seq<int>): (r: seq<int>)
    ensures |r| == |ids|
    ensures forall id :: id in r <==> id in ids
  {
    if ids == [] then [] else Reversed(ids[1..]) + [ids[0]]
  }

  /** The list holds the last twenty, the latest first. */
  lemma {:induction false} RemembersTwenty(sent: seq<int>, ids: seq<int>)
    requires |sent| <= 20
    ensures var all := Reversed(ids) + sent;
            RememberAll(sent, ids) == all[..if |all| < 20 then |all| else 20]
    decreases |ids|
  {
    if ids == [] {
      assert Reversed(ids) + sent == sent == sent[..|sent|];
    } else {
      var rest, longer := Reversed(ids[1..]), [ids[0]] + sent;
      RemembersTwenty(Remember(sent, ids[0]), ids[1..]);
      assert Reversed(ids) + sent == rest + longer;
      FrontTwenty(rest, longer);
    }
  }

  lemma {:induction false} FrontTwenty(a: seq<int>, b: seq<int>)
    ensures |b| == 21 ==> (a + b[..20])[..20] == (a + b)[..20]
  {
  }

  /** An id is known for the next nineteen pictures, and forgotten after twenty others. */
  lemma {:induction false} KnownForTwenty(sent: seq<int>, id: int, later: seq<int>)
    requires |sent| <= 20
    ensures |later| < 20 ==> id in RememberAll(Remember(sent, id), later)
    ensures |later| >= 20 && id !in later ==> id !in RememberAll(Remember(sent, id), later)
  {
    RemembersTwenty(Remember(sent, id), later);
    var all := Reversed(later) + Remember(sent, id);
    assert all[|later|] == id;
    if |later| >= 20 {
      assert forall i :: 0 <= i < 20 ==> all[i] == Reversed(later)[i] && all[i] in Reversed(later);
    }
  }

  predicate PendingId(s: State, id: int) {
    exists j :: 0 <= j < |s.works.pending| && BitstreamId(s.works.pending[j]) == id
  }

  /** A picture belongs to a work that is pending or has had pictures not long ago. */
  predicate Expected(s: State, id: int) { s.memory.lastOut == id || PendingId(s, id) || id in s.memory.sent }

  /** The state in which an expected picture waits behind the others, its block no longer with the decoder. */
  predicate Arrived(s: State, t: State, picture: Picture) {
    && t.works == s.works && t.log == s.log && t.mode == s.mode
    && t.pics.pictures == s.pics.pictures + [picture] && t.memory.lastOut == picture.id
    && Known(t.pics.blocks, picture.block) && !HeldBy(Accelerator, t.pics.blocks, picture.block)
    && (!(exists w :: w in s.works.pending && w.frame.drop) ==>
          t.memory.sent == Remember(s.memory.sent, picture.id))
  }

  /** An expected picture waits to be handed out; any other gives its block straight back to the decoder and
      changes nothing else. While a flush is under way pictures are ignored. */
  lemma {:induction false} PictureArrives(kind: Kind, s: State, block: int, id: int, bad: bool)
    requires !Shut(s.mode) && Known(s.pics.blocks, block)
    ensures var t, k := OnPicture(kind, s, block, id, bad), FindBlock(s.pics.blocks, block);
            if s.mode.phase == Flushing then t == s.(memory := s.memory.(lastOut := id))
            else if Expected(s, id) then
              exists u :: Arrived(s, u, Picture(id, block, bad, false)) && t == SendPictures(kind, u, false).0
            else t == s.(pics := s.pics.(blocks := s.pics.blocks[k := s.pics.blocks[k].(owner := Accelerator)]))
  {
    var k, j := FindBlock(s.pics.blocks, block), Find(s.works.pending, id);
    assert PendingId(s, id) <==> j < |s.works.pending|;
    if s.mode.phase != Flushing && Expected(s, id) {
      var u := Keep(s, k, Picture(id, block, bad, false));
      assert OnPicture(kind, s, block, id, bad) == SendPictures(kind, u, false).0;
      ArrivedKept(s, k, Picture(id, block, bad, false));
    }
    hide SendPictures, Keep;
  }

  lemma {:induction false} ArrivedKept(s: State, k: nat, picture: Picture)
    requires k == FindBlock(s.pics.blocks, picture.block) < |s.pics.blocks|
    ensures Arrived(s, Keep(s, k, picture), picture)
  {
    var b := s.pics.blocks[k];
    FindUpdated(s.pics.blocks, k, b.(owner := Component), picture.block);
  }

  /** A flush forgets what was expected: a picture that comes after it for a work from before goes back. */
  lemma {:induction false} LatePictureGoesBack(kind: Kind, s: State, block: int, id: int, bad: bool)
    requires s.mode.phase == Started && !s.mode.error && Known(s.pics.blocks, block) && id >= 0
    ensures var t := Handle(kind, Handle(kind, s, FlushRequest), FlushOrStopDone);
            var u := Handle(kind, t, PictureDone(block, id, bad));
            && HeldBy(Accelerator, u.pics.blocks, block) && u.pics.pictures == []
            && u.works == t.works && u.log == t.log
  {
    var r := Handle(kind, s, FlushRequest);
    assert r.mode.phase == Flushing && !r.mode.error && r.pics == s.pics && r.memory.lastOut == -1;
    var t := Handle(kind, r, FlushOrStopDone);
    assert t == OnFlushDone(r);
    assert t.pics.blocks == s.pics.blocks && t.memory.lastOut == -1 && t.memory.sent == [] && t.works.pending == [];
    assert t.mode.phase == Started && !Shut(t.mode) && t.pics.pictures == [];
    hide Handle, OnFlushDone;
    LateGoesBack(kind, t, block, id, bad);
  }

  lemma {:induction false} LateGoesBack(kind: Kind, t: State, block: int, id: int, bad: bool)
    requires !Shut(t.mode) && t.mode.phase != Flushing && Known(t.pics.blocks, block) && t.pics.pictures == []
    requires t.memory.lastOut != id && t.memory.sent == [] && t.works.pending == []
    ensures var u := Handle(kind, t, PictureDone(block, id, bad));
            && HeldBy(Accelerator, u.pics.blocks, block) && u.pics.pictures == []
            && u.works == t.works && u.log == t.log
  {
    var k := FindBlock(t.pics.blocks, block);
    FindUpdated(t.pics.blocks, k, t.pics.blocks[k].(owner := Accelerator), block);
    assert Handle(kind, t, PictureDone(block, id, bad)) == t.(pics := SetOwner(t.pics, k, Accelerator));
  }

  // ---------- blocks that come back ----------

  /** The first unknown block that comes back is kept as a spare, the second is an error. */
  lemma {:induction false} UnknownBlocks(kind: Kind, s: State, first: int, second: int, changed: bool, c: Change)
    requires Live(s.pics) && !Shut(s.mode) && !Known(s.pics.blocks, first) && !Known(s.pics.blocks, second)
    ensures var t := OnBlockReturned(kind, s, first, false, changed, c);
            var u := OnBlockReturned(kind, t, second, false, changed, c);
            if s.pics.spare then t.mode.error && t.pics == s.pics
            else t == s.(pics := s.pics.(spare := true)) && u.mode.error && u.pics == t.pics
  {
  }

  /** Unless a change of resolution is under way, a block that is not with the client cannot come back. */
  lemma {:induction false} NotTheClients(kind: Kind, s: State, block: int, c: Change)
    requires Live(s.pics) && !Shut(s.mode) && Known(s.pics.blocks, block) && !HeldBy(Client, s.pics.blocks, block)
    ensures OnBlockReturned(kind, s, block, false, true, c) == s.(mode := s.mode.(error := true))
  {
    assert Bind(s, FindBlock(s.pics.blocks, block)) == s;
  }

  // ---------- changes of format ----------

  /** A new format waits while pictures wait, and is otherwise settled at once: blocks that the decoder has do not
      keep it from that. Only a first allocation without a block pool fails. */
  lemma {:induction false} NewFormat(kind: Kind, s: State, c: Change)
    requires !Shut(s.mode) && !s.mode.format
    ensures var t := OnFormatChanged(kind, s, c);
            && t.works == s.works && t.log == s.log && t.pics.pictures == s.pics.pictures
            && (t.mode.format <==> s.pics.pictures != [] || (!s.mode.hasBuffers && !c.pool))
            && (s.pics.pictures != [] ==> !t.mode.error && forall id :: !HeldBy(Accelerator, t.pics.blocks, id))
  {
    var u := s.(pics := s.pics.(blocks := PassAll(s.pics.blocks, Accelerator, Component)),
                mode := s.mode.(format := true));
    assert !Lent(u.pics.blocks);
    assert forall id :: Known(u.pics.blocks, id) ==> u.pics.blocks[FindBlock(u.pics.blocks, id)].owner != Accelerator;
    hide PassAll;
  }

  /** A pending format is settled when no picture waits any more and no block is with the decoder; such a block is
      an error. */
  lemma {:induction false} PendingFormat(kind: Kind, s: State, c: Change)
    requires s.mode.format
    ensures var t := TryChangeFormat(kind, s, c);
            if s.pics.pictures != [] then t == s
            else if exists i :: 0 <= i < |s.pics.blocks| && s.pics.blocks[i].owner == Accelerator
            then t == ReportError(s)
            else && (t.mode.format <==> !s.mode.hasBuffers && !c.pool)
                 && t.works == s.works && t.log == s.log && t.memory == s.memory && t.pics.pictures == []
  {
  }

  /** With a buffer queue, a change that keeps the size gives all blocks that the component holds to the decoder,
      and leaves the client's alone; a change of size gives all blocks up. */
  lemma {:induction false} QueueKeepsBlocks(kind: Kind, s: State, c: Change)
    requires s.mode.format && s.mode.hasBuffers && s.pics.pictures == [] && kind.bufferQueue && !Lent(s.pics.blocks)
    ensures var b := TryChangeFormat(kind, s, c).pics.blocks;
            if c.sizeChanged then b == []
            else |b| == |s.pics.blocks|
                 && forall i :: 0 <= i < |b| ==>
                      b[i] == if s.pics.blocks[i].owner == Client then s.pics.blocks[i]
                              else s.pics.blocks[i].(owner := Accelerator)
  {
  }

  /** The first allocation: all blocks that were fetched go to the decoder, and as many shown ones are remembered
      as the client shows at a time. */
  lemma {:induction false} FirstBlocks(kind: Kind, s: State, c: Change)
    requires s.mode.format && !s.mode.hasBuffers && s.pics.pictures == [] && !Lent(s.pics.blocks)
    requires c.pool && c.display.Some? && !c.cleared
    ensures var t := TryChangeFormat(kind, s, c);
            && t.mode.hasBuffers && |t.pics.undequeued| == c.display.value && |t.pics.blocks| == |c.fetched|
            && forall i :: 0 <= i < |c.fetched| ==> t.pics.blocks[i] == Block(c.fetched[i], Accelerator, true, true)
  {
  }

  // ---------- drains ----------

  /** A drain that is asked for in mid-stream is marked on the work that was queued last, unless that has a mark,
      and starts when the work is taken; without queued works it starts at once if works are pending. */
  lemma {:induction false} DrainAsked(s: State, eos: bool)
    requires !Shut(s.mode) && s.mode.phase == Started
    ensures var t, q := OnDrain(s, eos), s.works.queue; var drain := if eos then DrainWithEos else DrainNoEos;
            && t.works.pending == s.works.pending && |t.works.queue| == |q| && t.log == s.log && t.pics == s.pics
            && (q != [] ==> t.mode == s.mode && t.works.queue[..|q| - 1] == q[..|q| - 1]
                            && t.works.queue[|q| - 1] == if q[|q| - 1].drain == NoDrain then q[|q| - 1].(drain := drain)
                                                         else q[|q| - 1])
            && (q == [] && s.works.pending != [] ==> t.mode.phase == Draining && t.mode.pendingEos == eos)
            && (q == [] && s.works.pending == [] ==> t == s)
  {
  }

  /** Taking a work starts the drain that is marked on it, and no other. */
  lemma {:induction false} DrainStarts(s: State, sent: bool)
    requires !Shut(s.mode) && s.mode.phase == Started && s.works.queue != []
    ensures var t, w := OnDequeueWork(s, sent), s.works.queue[0];
            && t.works.queue == s.works.queue[1..]
            && t.mode.phase == (if w.drain == NoDrain then Started else Draining)
            && (EmptyConfig(w) || EmptyWork(w) || t.mode.pendingEos == if w.drain == NoDrain then s.mode.pendingEos
                                                                       else w.drain == DrainWithEos)
  {
    hide Reclaim, Find;
  }

  /** So a drain that is asked for behind a queued work starts with it, to the end of the stream or not as it was
      asked for; and a work that ends the stream starts one by itself. */
  lemma {:induction false} DrainIsServed(s: State, w: Work, eos: bool, sent: bool)
    requires !Shut(s.mode) && s.mode.phase == Started && s.works.queue == [] && w.input == Buffer
    ensures var t := OnDequeueWork(OnDrain(OnQueueWork(s, w), eos), sent);
            t.mode.phase == Draining && t.mode.pendingEos == (w.frame.eos || eos)
  {
    var q := OnQueueWork(s, w);
    assert q.mode.phase == Started && !Shut(q.mode) && |q.works.queue| == 1 && q.works.queue[0].input == Buffer;
    assert q.works.queue[0].drain == if w.frame.eos then DrainWithEos else NoDrain;
    DrainAsked(q, eos);
    var d := OnDrain(q, eos);
    assert d.works.queue[0].input == Buffer;
    hide OnQueueWork, OnDrain, OnDequeueWork;
    DrainStarts(d, sent);
  }

  // ---------- flushed blocks ----------

  /** When the works of a flush have been picked up and a new one comes, all blocks are with the decoder or the
      client again. */
  lemma {:induction false} FlushedBlocksReturn(kind: Kind, s: State, w: Work)
    requires s.mode.phase == Started && !s.mode.error && !s.mode.format && s.mode.hasBuffers
    requires Recycled(s.pics) && s.pics.reuse == []
    ensures var t := Handle(kind, Handle(kind, s, FlushRequest), FlushOrStopDone);
            var u := Handle(kind, Handle(kind, t, PickUpFlushed), QueueWork(w));
            u.pics.pictures == [] && u.pics.reuse == [] && forall id :: !Held(u.pics.blocks, id)
  {
    FlushClears(kind, s);
    var t := Handle(kind, Handle(kind, s, FlushRequest), FlushOrStopDone);
    FlushedKeepsBuffers(kind, s);
    hide Recycled, Handle, BlocksOf;
    PickedUp(kind, t, w);
    forall id
      ensures !Held(Reclaim(t.pics.blocks, t.pics.reuse), id)
    {
      ReclaimGives(t.pics.blocks, t.pics.reuse, id);
      BlocksOfPictures(s.pics.pictures, id);
      HeldMustWait(s.pics, id);
    }
  }

  lemma {:induction false} HeldMustWait(p: Pics, id: int)
    requires Recycled(p) && p.reuse == []
    ensures Held(p.blocks, id) ==> Waits(p.pictures, id)
  {
  }

  lemma {:induction false} FlushedKeepsBuffers(kind: Kind, s: State)
    requires s.mode.phase == Started && !s.mode.error
    ensures Handle(kind, Handle(kind, s, FlushRequest), FlushOrStopDone).mode.hasBuffers == s.mode.hasBuffers
  {
    var r := Handle(kind, s, FlushRequest);
    assert r.mode.phase == Flushing && !r.mode.error && r.mode.hasBuffers == s.mode.hasBuffers;
    assert Handle(kind, r, FlushOrStopDone) == OnFlushDone(r);
  }

  lemma {:induction false} PickedUp(kind: Kind, t: State, w: Work)
    requires t.mode.phase == Started && !t.mode.error && t.mode.hasBuffers
    ensures var u := Handle(kind, Handle(kind, t, PickUpFlushed), QueueWork(w));
            && u.pics.blocks == Reclaim(t.pics.blocks, t.pics.reuse) && u.pics.reuse == []
            && u.pics.pictures == t.pics.pictures
  {
    hide Reclaim;
  }

  // ---------- works without a picture ----------

  /** When the decoder gives an input back, the work is reported if nothing more is to come for it: a codec
      configuration, a work whose picture was dropped, or one to be dropped whose picture has come. */
  lemma {:induction false} InputReadReports(s: State, id: int)
    requires !Shut(s.mode) && Find(s.works.pending, id) < |s.works.pending|
    ensures var k := Find(s.works.pending, id); var w, t := s.works.pending[k], OnInputDone(s, id);
            if (w.frame.config || w.out.drop || (w.frame.drop && w.out.picture))
               && !(s.mode.pendingEos && |s.works.pending| == 1)
            then t.works.pending == Without(s.works.pending, k)
                 && t.log.reported == s.log.reported
                                      + [w.(input := EmptySlot, result := Done, out := w.out.(drop := false))]
            else t.works.pending == s.works.pending[k := w.(input := EmptySlot)] && t.log == s.log
  {
    var k := Find(s.works.pending, id);
    var w := s.works.pending[k].(input := EmptySlot);
    FindChanged(s.works.pending, k, w, id);
    assert Without(s.works.pending[k := w], k) == Without(s.works.pending, k);
    hide Without, Find;
  }

  lemma {:induction false} FindChanged(ws: seq<Work>, k: nat, w: Work, id: int)
    requires k < |ws| && w.frame.index == ws[k].frame.index
    ensures Find(ws[k := w], id) == Find(ws, id)
  {
    if k == 0 {
      assert ws[k := w][1..] == ws[1..];
    } else if BitstreamId(ws[0]) != id {
      assert ws[k := w][1..] == ws[1..][k - 1 := w];
      FindChanged(ws[1..], k - 1, w, id);
    }
  }

  /** A frame that could not be decoded: its work is reported without a picture as soon as its input has been read. */
  lemma {:induction false} ErrorFrameReports(s: State, id: int, tooMany: bool)
    requires id >= 0 && Find(s.works.pending, id) < |s.works.pending|
    ensures var k := Find(s.works.pending, id); var w, t := s.works.pending[k], OnErrorFrame(s, id, tooMany);
            && (if w.input != Buffer && !(s.mode.pendingEos && |s.works.pending| == 1)
                then t.works.pending == Without(s.works.pending, k)
                     && t.log.reported == s.log.reported + [w.(result := Done, out := w.out.(drop := false))]
                else t.works.pending == s.works.pending[k := w.(out := w.out.(drop := true))] && t.log == s.log)
            && (tooMany && !Shut(s.mode) ==> t.mode.error)
  {
    var k := Find(s.works.pending, id);
    var w := s.works.pending[k].(out := s.works.pending[k].out.(drop := true));
    FindChanged(s.works.pending, k, w, id);
    assert Without(s.works.pending[k := w], k) == Without(s.works.pending, k);
    hide Without, Find;
  }

  /** In VP9 a picture that goes to its work marks the works that it has overtaken, by frame index and timestamp, as
      going without, and no others; they are noted to be reported. */
  lemma {:induction false} OvertakenAreMarked(kind: Kind, s: State, k: nat, j: nat, i: nat)
    requires k < |s.pics.blocks| && s.pics.pictures != [] && j < |s.works.pending| && i < |s.works.pending| && i != j
    ensures var t, v, w := Place(kind, s, k, j), s.works.pending[i], s.works.pending[j];
            var overtaken := && kind.vp9 && v.frame.time < w.frame.time && v.frame.index < w.frame.index
                             && !v.out.picture && !v.out.drop && !v.frame.eos && !v.frame.config;
            && |t.works.pending| == |s.works.pending|
            && t.works.pending[i] == (if overtaken then v.(out := v.out.(drop := true)) else v)
            && (overtaken ==> BitstreamId(v) in t.memory.noShow)
  {
    var w := s.works.pending[j];
    var h := HandBlock(kind, s.pics, k, s.pics.pictures[0].block, s.pics.pictures[0].bad);
    var u := SetPending(s, s.works.pending[j := Attach(w, h)]).(memory := s.memory.(last := Some(w.frame)));
    assert u.works.pending[i] == s.works.pending[i];
    NoShowListed(u.works.pending, w.frame, i);
    hide HandBlock, Attach, NoShowIds, MarkNoShow;
  }

  lemma {:induction false} NoShowListed(ws: seq<Work>, current: Frame, i: nat)
    requires i < |ws|
    ensures NoShow(ws[i], current) ==> BitstreamId(ws[i]) in NoShowIds(ws, current)
  {
    if i > 0 {
      NoShowListed(ws[1..], current, i - 1);
    }
  }

  /** The works that were noted so are reported, as far as their input has been read, and the note is taken off. */
  lemma {:induction false} OvertakenIsReported(s: State, id: nat)
    requires s.memory.noShow == [id] && Find(s.works.pending, id) < |s.works.pending|
    ensures var k := Find(s.works.pending, id); var w, t := s.works.pending[k], ReportNoShow(s);
            && t.memory.noShow == []
            && if w.input != Buffer && (w.out.drop || w.frame.config || w.out.picture)
                  && !(s.mode.pendingEos && |s.works.pending| == 1)
               then t.works.pending == Without(s.works.pending, k)
                    && t.log.reported == s.log.reported + [w.(result := Done, out := w.out.(drop := false))]
               else t.works == s.works && t.log == s.log
  {
    var r := ReportIfFinished(s, id, false).0;
    assert ReportEach(s, [id]) == ReportEach(r, [id][1..]) == r;
    hide Find, Without, ReportEach;
  }

  // ---------- works that are taken ----------

  /** A work that is taken becomes pending with nothing put out for it yet; an input that the decoder could not be
      given is an error, but the start of a drain forgets that error. */
  lemma {:induction false} WorkIsTaken(s: State, sent: bool)
    requires !Shut(s.mode) && s.mode.phase == Started && s.works.queue != [] && s.works.queue[0].input != NoBuffer
    ensures var t, w := OnDequeueWork(s, sent), s.works.queue[0];
            && t.works.pending == s.works.pending + [w.(out := Out(false, false, false))]
            && (t.mode.error <==> w.input == Buffer && !sent && w.drain == NoDrain)
  {
    hide Reclaim, ReportIfFinished;
  }

  /** Works are taken only by a component that has been started, and is not draining, flushing or stopping. */
  lemma {:induction false} TakenOnlyWhenStarted(kind: Kind, s: State, ok: bool, sent: bool)
    ensures s.mode.phase != Started ==> OnDequeueWork(s, sent) == s
    ensures (Handle(kind, s, Start(ok)).mode.phase == Started <==> ok) && !Handle(kind, s, Start(ok)).mode.error
  {
  }

  // ---------- errors ----------

  /** Messages that a component in error leaves alone. */
  predicate Ignored(phase: Phase, e: Event) {
    e.QueueWork? || e.DequeueWork? || e.InputDone? || e.PictureDone? || e.BlockReturned? || e.NewBlock?
    || e.FormatChanged? || e.DrainRequest? || e.DrainDone? || (e.FlushOrStopDone? && phase == Flushing)
  }

  /** From an error of the decoder on nothing is taken, handed out or given away, whatever comes in, until a timeout
      of a flush, say, forgets the error. */
  lemma {:induction false} ErrorHolds(kind: Kind, s: State, events: seq<Event>)
    requires s.mode.phase != Uninitialized && s.mode.phase != Destroyed
    requires forall i :: 0 <= i < |events| ==> Ignored(s.mode.phase, events[i])
    ensures var t := Run(kind, Handle(kind, s, DecoderError), events);
            && t == s.(mode := s.mode.(error := true))
            && Handle(kind, t, FlushTimeout) == s.(mode := s.mode.(phase := Started, error := false))
  {
    IgnoredInError(kind, s.(mode := s.mode.(error := true)), events);
  }

  lemma {:induction false} IgnoredInError(kind: Kind, s: State, events: seq<Event>)
    requires s.mode.error && forall i :: 0 <= i < |events| ==> Ignored(s.mode.phase, events[i])
    ensures Run(kind, s, events) == s
    decreases |events|
  {
    if events != [] {
      assert Handle(kind, s, events[0]) == s;
      IgnoredInError(kind, s, events[1..]);
    }
  }

  // ---------- new blocks, and the end ----------

  /** A block from the pool goes to the decoder, unless it does not fit or the component is stopping. */
  lemma {:induction false} NewBlockTaken(s: State, block: int, fits: bool, described: bool)
    requires !Shut(s.mode)
    ensures var t := OnNewBlock(s, block, fits, described);
            if s.mode.phase == Stopping || !fits then t == s
            else if described then HeldBy(Accelerator, t.pics.blocks, block) && t.mode == s.mode
            else t.mode.error && |t.pics.blocks| == |s.pics.blocks|
  {
    var b := Block(block, Component, true, true);
    var p := if described then s.pics.(blocks := s.pics.blocks + [b]) else s.pics;
    var k := FindBlock(p.blocks, block);
    KnownAppend(s.pics.blocks, b, block);
    if k < |p.blocks| {
      FindUpdated(p.blocks, k, p.blocks[k].(owner := Accelerator), block);
    }
  }

  /** When a stop is complete, nothing is remembered, and the next format allocates anew. */
  lemma {:induction false} FreshAfterStop(kind: Kind, s: State)
    requires s.mode.phase == Stopping
    ensures var t := Handle(kind, s, FlushOrStopDone);
            && t.mode.phase == Uninitialized && !t.mode.error && !t.mode.format && !t.mode.hasBuffers
            && !t.mode.pendingEos && t.pics.blocks == [] && t.pics.pictures == [] && !t.pics.spare
            && t.memory.sent == [] && t.memory.noOut == []
  {
    assert Handle(kind, s, FlushOrStopDone) == OnStopDone(s);
    hide Handle, Abandon;
  }

  /** When a change of format that is settled leaves the component in error. */
  lemma {:induction false} FormatErrorIff(kind: Kind, s: State, c: Change)
    requires s.mode.format && s.pics.pictures == [] && !Lent(s.pics.blocks)
    requires s.mode.phase != Uninitialized && s.mode.phase != Destroyed
    ensures var t := TryChangeFormat(kind, s, c);
            t.mode.error <==>
              || s.mode.error
              || (if s.mode.hasBuffers
                  then !c.restarted || (!c.requested && if kind.bufferQueue then c.sizeChanged else c.reallocate)
                  else !c.pool || c.display.None? || c.failed || c.cleared)
    ensures !s.mode.hasBuffers && c.pool && (c.display.None? || c.cleared) ==>
              TryChangeFormat(kind, s, c).pics.blocks == []
  {
  }
}
