/** Pictures that wait for their works never outlive their graphic blocks, whatever changes of format,
    flushes, stops and returns come in between; hence the loop that empties them in a flush ends. */
module HwVdecBlocks {
  import opened Options
  import opened HwVdec
  import opened HwVdecConservation

  /** Every waiting picture is in a block that the component knows. */
  predicate InKnownBlocks(p: Pics) {
    forall i :: 0 <= i < |p.pictures| ==> Known(p.blocks, p.pictures[i].block)
  }

  predicate AllBound(blocks: seq<Block>) { forall i :: 0 <= i < |blocks| ==> blocks[i].bound }

  predicate Live(p: Pics) { InKnownBlocks(p) && AllBound(p.blocks) }

  /** The blocks are the same but for their owners and what is loaded. */
  predicate SameIds(a: seq<Block>, b: seq<Block>) {
    |a| == |b| && forall i :: 0 <= i < |a| ==> a[i].id == b[i].id && a[i].bound == b[i].bound
  }

  lemma {:induction false} SameIdsFind(a: seq<Block>, b: seq<Block>, id: int)
    requires SameIds(a, b)
    ensures FindBlock(a, id) == FindBlock(b, id)
  {
    if a != [] {
      SameIdsFind(a[1..], b[1..], id);
    }
  }

  /** Taking the picture in front away keeps pictures alive. */
  lemma {:induction false} PopLive(p: Pics)
    requires Live(p) && p.pictures != []
    ensures Live(p.(pictures := p.pictures[1..]))
  {
    forall i | 0 <= i < |p.pictures| - 1
      ensures Known(p.blocks, p.pictures[1..][i].block)
    {
      assert p.pictures[1..][i] == p.pictures[i + 1];
    }
  }

  /** So does changing blocks, but not their ids, and marking pictures. */
  lemma {:induction false} MarkLive(p: Pics, q: Pics)
    requires Live(p) && SameIds(p.blocks, q.blocks) && |q.pictures| == |p.pictures|
    requires forall i :: 0 <= i < |q.pictures| ==> q.pictures[i].block == p.pictures[i].block
    ensures Live(q)
  {
    forall i | 0 <= i < |q.pictures|
      ensures Known(q.blocks, q.pictures[i].block)
    {
      SameIdsFind(p.blocks, q.blocks, p.pictures[i].block);
    }
  }

  lemma {:induction false} KnownAppend(blocks: seq<Block>, b: Block, id: int)
    ensures Known(blocks, id) ==> Known(blocks + [b], id)
    ensures Known(blocks + [b], b.id)
  {
    if blocks != [] {
      assert (blocks + [b])[1..] == blocks[1..] + [b];
      KnownAppend(blocks[1..], b, id);
    }
  }

  lemma {:induction false} ConfirmPics(s: State)
    requires s.pics.pictures != []
    ensures var p := Confirm(s).s.pics; p == s.pics || p == s.pics.(pictures := s.pics.pictures[1..])
  {
  }

  lemma {:induction false} ConfirmLive(s: State)
    requires s.pics.pictures != [] && Live(s.pics)
    ensures Live(Confirm(s).s.pics)
  {
    PopLive(s.pics);
    ConfirmPics(s);
  }

  /** Handing a picture over changes the owner of its block, and at most marks the picture in front. */
  lemma {:induction false} PlacePics(kind: Kind, s: State, k: nat, j: nat)
    requires k < |s.pics.blocks| && s.pics.pictures != [] && j < |s.works.pending|
    ensures var p := Place(kind, s, k, j).pics;
            && p.blocks == HandBlock(kind, s.pics, k, s.pics.pictures[0].block, s.pics.pictures[0].bad).pics.blocks
            && p.pictures == [s.pics.pictures[0].(setOut := true)] + s.pics.pictures[1..]
  {
  }

  lemma {:induction false} HandSameIds(kind: Kind, p: Pics, k: nat, block: int, bad: bool)
    requires k < |p.blocks|
    ensures SameIds(p.blocks, HandBlock(kind, p, k, block, bad).pics.blocks)
  {
  }

  lemma {:induction false} PlaceLive(kind: Kind, s: State, k: nat, j: nat)
    requires k < |s.pics.blocks| && s.pics.pictures != [] && j < |s.works.pending| && Live(s.pics)
    ensures Live(Place(kind, s, k, j).pics)
  {
    var p := Place(kind, s, k, j).pics;
    assert SameIds(s.pics.blocks, p.blocks) && |p.pictures| == |s.pics.pictures|
           && forall i :: 0 <= i < |p.pictures| ==> p.pictures[i].block == s.pics.pictures[i].block by {
      PlacePics(kind, s, k, j);
      HandSameIds(kind, s.pics, k, s.pics.pictures[0].block, s.pics.pictures[0].bad);
    }
    MarkLive(s.pics, p);
  }

  lemma {:induction false} CloneLive(kind: Kind, s: State, k: nat, last: Frame)
    requires k < |s.pics.blocks| && s.pics.pictures != [] && Live(s.pics)
    ensures Live(Pop(Clone(kind, s, k, last)).pics)
  {
    var p := Clone(kind, s, k, last).pics;
    var h := HandBlock(kind, s.pics, k, s.pics.pictures[0].block, s.pics.pictures[0].bad).pics;
    assert p == h;
    HandSameIds(kind, s.pics, k, s.pics.pictures[0].block, s.pics.pictures[0].bad);
    MarkLive(s.pics, h);
    PopLive(h);
  }

  lemma {:induction false} FrontLive(kind: Kind, s: State, drop: bool)
    requires s.pics.pictures != [] && Live(s.pics)
    ensures Live(Front(kind, s, drop).s.pics)
  {
    var k := FindBlock(s.pics.blocks, s.pics.pictures[0].block);
    var j := Find(s.works.pending, s.pics.pictures[0].id);
    if k < |s.pics.blocks| && s.pics.blocks[k].owner != Accelerator {
      if j == |s.works.pending| {
        match s.memory.last
        case None =>
          MarkLive(s.pics, SetOwner(s.pics, k, Accelerator));
          PopLive(SetOwner(s.pics, k, Accelerator));
        case Some(last) => CloneLive(kind, s, k, last);
      } else if s.works.pending[j].input != Buffer {
        if s.pics.pictures[0].setOut {
          ConfirmLive(s);
        } else {
          PlaceLive(kind, s, k, j);
          ConfirmLive(Place(kind, s, k, j));
        }
      }
    }
  }

  lemma {:induction false} SendPicturesLive(kind: Kind, s: State, drop: bool)
    requires Live(s.pics)
    ensures Live(SendPictures(kind, s, drop).0.pics)
    decreases |s.pics.pictures|
  {
    if s.pics.pictures != [] {
      FrontLive(kind, s, drop);
      match Front(kind, s, drop)
      case Halt(_, _) =>
      case Go(t) => SendPicturesLive(kind, t, drop);
    }
  }

  lemma {:induction false} KeepLive(s: State, k: nat, picture: Picture)
    requires Live(s.pics) && k < |s.pics.blocks| && FindBlock(s.pics.blocks, picture.block) == k
    ensures Live(Keep(s, k, picture).pics)
  {
    var p := if s.pics.blocks[k].owner == Accelerator then SetOwner(s.pics, k, Component) else s.pics;
    MarkLive(s.pics, p);
    SameIdsFind(s.pics.blocks, p.blocks, picture.block);
    var q := p.(pictures := p.pictures + [picture]);
    assert Known(q.blocks, picture.block);
    assert Live(q);
    assert Keep(s, k, picture).pics == q;
  }

  lemma {:induction false} PictureLive(kind: Kind, s: State, block: int, id: int, bad: bool)
    requires Live(s.pics)
    ensures Live(OnPicture(kind, s, block, id, bad).pics)
  {
    var k := FindBlock(s.pics.blocks, block);
    if !Shut(s.mode) && s.mode.phase != Flushing && k < |s.pics.blocks| {
      if s.memory.lastOut != id && Find(s.works.pending, id) == |s.works.pending| && id !in s.memory.sent {
        MarkLive(s.pics, SetOwner(s.pics, k, Accelerator));
      } else {
        var t := Keep(s, k, Picture(id, block, bad, false));
        KeepLive(s, k, Picture(id, block, bad, false));
        SendPicturesLive(kind, t, false);
        assert OnPicture(kind, s, block, id, bad) == SendPictures(kind, t, false).0;
      }
    }
  }

  /** A change of format takes blocks away only when no picture waits. */
  lemma {:induction false} ChangeFormatLive(kind: Kind, s: State, c: Change)
    requires Live(s.pics)
    ensures Live(TryChangeFormat(kind, s, c).pics)
  {
    if s.pics.pictures != [] {
      assert TryChangeFormat(kind, s, c) == s;
    } else {
      assert TryChangeFormat(kind, s, c).pics.pictures == [];
    }
  }

  lemma {:induction false} ReturnLive(s: State, k: nat)
    requires Live(s.pics) && k < |s.pics.blocks|
    ensures Live(Return(s, k).pics)
  {
    MarkLive(s.pics, Return(s, k).pics);
  }

  lemma {:induction false} BlockReturnedLive(kind: Kind, s: State, block: int, obsolete: bool, changed: bool, c: Change)
    requires Live(s.pics)
    ensures Live(OnBlockReturned(kind, s, block, obsolete, changed, c).pics)
  {
    var k := Returned(s.pics.blocks, block);
    if k < |s.pics.blocks| {
      assert Known(s.pics.blocks, block);
      assert Bind(s, k).pics.blocks == s.pics.blocks;
      var t := Return(s, k);
      ReturnLive(s, k);
      ChangeFormatLive(kind, t, c);
      SendPicturesLive(kind, t, false);
    }
  }

  lemma {:induction false} AppendLive(p: Pics, b: Block)
    requires Live(p) && b.bound
    ensures Live(p.(blocks := p.blocks + [b]))
  {
    forall i | 0 <= i < |p.pictures|
      ensures Known(p.blocks + [b], p.pictures[i].block)
    {
      KnownAppend(p.blocks, b, p.pictures[i].block);
    }
  }

  lemma {:induction false} NewBlockLive(s: State, block: int, fits: bool, described: bool)
    requires Live(s.pics)
    ensures Live(OnNewBlock(s, block, fits, described).pics)
  {
    var b := Block(block, Component, true, true);
    var p := if described then s.pics.(blocks := s.pics.blocks + [b]) else s.pics;
    AppendLive(s.pics, b);
    var k := FindBlock(p.blocks, block);
    if k < |p.blocks| {
      MarkLive(p, SetOwner(p, k, Accelerator));
    }
  }

  lemma {:induction false} DrainDoneLive(kind: Kind, s: State)
    requires Live(s.pics)
    ensures Live(OnDrainDone(kind, s).pics)
  {
    var t := s.(mode := if s.mode.phase == Draining then Enter(s.mode, Started) else s.mode);
    SendPicturesLive(kind, t, true);
    assert ReportEos(s).0.pics == s.pics;
    assert ReportEos(SendPictures(kind, t, true).0).0.pics == SendPictures(kind, t, true).0.pics;
  }

  lemma {:induction false} NoOutPics(s: State)
    ensures ReportNoOut(s).pics == s.pics
    decreases |s.memory.noOut|
  {
    if s.memory.noOut != [] {
      var k := Find(s.works.pending, s.memory.noOut[0]);
      if k < |s.works.pending| && s.works.pending[k].input != Buffer {
        var t := ReportAt(s, k, s.works.pending[k].(result := Done));
        NoOutPics(t.(memory := t.memory.(noOut := t.memory.noOut[1..])));
      }
    }
  }

  lemma {:induction false} ReportEachPics(s: State, ids: seq<nat>)
    ensures ReportEach(s, ids).pics == s.pics
    decreases |ids|
  {
    if ids != [] {
      ReportEachPics(ReportIfFinished(s, ids[0], false).0, ids[1..]);
    }
  }

  /** Events that touch no picture. */
  predicate NoPicture(e: Event) {
    e.InputDone? || e.DrainRequest? || e.FlushRequest? || e.NoOutFrame? || e.ErrorFrame? || e.DecoderError? || e.Start?
    || e.PickUpFlushed? || e.FlushTimeout? || e.NoOutFrames? || e.NoShowFrames?
  }

  lemma {:induction false} NoPicturePics(kind: Kind, s: State, e: Event)
    requires NoPicture(e)
    ensures Handle(kind, s, e).pics == s.pics
  {
    if e.NoOutFrames? {
      NoOutPics(s);
    } else if e.NoShowFrames? {
      ReportEachPics(s, s.memory.noShow);
    }
  }

  /** The events that end something clear all pictures or none, and blocks only with the pictures. */
  lemma {:induction false} ClearedLive(kind: Kind, s: State, e: Event)
    requires e.StopRequest? || e.FlushOrStopDone? || e.Destroy?
    ensures var p := Handle(kind, s, e).pics; (p.pictures == [] && p.blocks in {[], s.pics.blocks}) || p == s.pics
  {
  }

  lemma {:induction false} ReuseLive(s: State)
    requires Live(s.pics)
    ensures Live(Reuse(s).pics)
  {
    MarkLive(s.pics, Reuse(s).pics);
  }

  lemma {:induction false} FormatChangedLive(kind: Kind, s: State, c: Change)
    requires Live(s.pics) && !s.mode.format
    ensures Live(OnFormatChanged(kind, s, c).pics)
  {
    var p := s.pics.(blocks := PassAll(s.pics.blocks, Accelerator, Component));
    MarkLive(s.pics, p);
    ChangeFormatLive(kind, s.(pics := p, mode := s.mode.(format := true)), c);
  }

  lemma {:induction false} DequeueLive(s: State, sent: bool)
    requires Live(s.pics)
    ensures Live(OnDequeueWork(s, sent).pics)
  {
    ReuseLive(s);
    if s.works.queue != [] {
      assert TakeWork(Reuse(s), sent).pics == Reuse(s).pics;
    }
  }

  lemma {:induction false} EventLive(kind: Kind, s: State, e: Event)
    requires Live(s.pics)
    ensures Live(Handle(kind, s, e).pics)
  {
    match e
    case QueueWork(_) => ReuseLive(s);
    case DequeueWork(sent) => DequeueLive(s, sent);
    case PictureDone(block, id, bad) => PictureLive(kind, s, block, id, bad);
    case HandOutPictures => SendPicturesLive(kind, s, false);
    case BlockReturned(block, obsolete, changed, change) =>
      BlockReturnedLive(kind, s, block, obsolete, changed, change);
    case NewBlock(block, fits, described) => NewBlockLive(s, block, fits, described);
    case FormatChanged(change) =>
      if !s.mode.format {
        FormatChangedLive(kind, s, change);
      }
    case ChangeFormat(change) => ChangeFormatLive(kind, s, change);
    case DrainDone => DrainDoneLive(kind, s);
    case StopRequest => ClearedLive(kind, s, e);
    case FlushOrStopDone => ClearedLive(kind, s, e);
    case Destroy => ClearedLive(kind, s, e);
    case _ => NoPicturePics(kind, s, e);
  }

  /** In every run each waiting picture is in a block that the component knows, and all blocks are bound. */
  lemma {:induction false} RunLive(kind: Kind, s: State, events: seq<Event>)
    requires Live(s.pics)
    ensures Live(Run(kind, s, events).pics)
    decreases |events|
  {
    if events != [] {
      EventLive(kind, s, events[0]);
      RunLive(kind, Handle(kind, s, events[0]), events[1..]);
    }
  }

  /** So a block that comes back never takes over the entry of another. */
  lemma {:induction false} NoRebinding(kind: Kind, events: seq<Event>, block: int)
    ensures var blocks := Run(kind, Initial, events).pics.blocks;
            var k := Returned(blocks, block); k < |blocks| ==> blocks[k].id == block
  {
    RunLive(kind, Initial, events);
  }

  // ---------- the loop of a flush ----------

  /** The waiting pictures after `n` rounds of the loop: a round takes the picture in front, or, if its
      block is unknown, changes nothing. */
  function AfterRounds(blocks: seq<Block>, pictures: seq<Picture>, n: nat): seq<Picture> {
    if n == 0 || pictures == [] then pictures
    else AfterRounds(blocks, if Known(blocks, pictures[0].block) then pictures[1..] else pictures, n - 1)
  }

  lemma {:induction false} StuckForever(blocks: seq<Block>, pictures: seq<Picture>, n: nat, i: nat)
    requires i < |pictures| && !Known(blocks, pictures[i].block)
    ensures AfterRounds(blocks, pictures, n) != []
  {
    if n > 0 {
      if Known(blocks, pictures[0].block) {
        StuckForever(blocks, pictures[1..], n - 1, i - 1);
      } else {
        StuckForever(blocks, pictures, n - 1, i);
      }
    }
  }

  lemma {:induction false} RoundsEmpty(blocks: seq<Block>, pictures: seq<Picture>)
    requires forall i :: 0 <= i < |pictures| ==> Known(blocks, pictures[i].block)
    ensures AfterRounds(blocks, pictures, |pictures|) == []
  {
    if pictures != [] {
      RoundsEmpty(blocks, pictures[1..]);
    }
  }

  /** The loop that empties the waiting pictures ends if and only if their blocks are all known. */
  lemma {:induction false} FlushLoopEndsIff(p: Pics)
    ensures (exists n: nat :: AfterRounds(p.blocks, p.pictures, n) == []) <==> InKnownBlocks(p)
  {
    if InKnownBlocks(p) {
      RoundsEmpty(p.blocks, p.pictures);
    } else {
      var i :| 0 <= i < |p.pictures| && !Known(p.blocks, p.pictures[i].block);
      forall n: nat
        ensures AfterRounds(p.blocks, p.pictures, n) != []
      {
        StuckForever(p.blocks, p.pictures, n, i);
      }
    }
  }

  /** So a flush that completes in any run gets through that loop. */
  lemma {:induction false} EveryFlushEnds(kind: Kind, events: seq<Event>)
    ensures var p := Run(kind, Initial, events).pics;
            InKnownBlocks(p) && exists n: nat :: AfterRounds(p.blocks, p.pictures, n) == []
  {
    RunLive(kind, Initial, events);
    FlushLoopEndsIff(Run(kind, Initial, events).pics);
  }
}
