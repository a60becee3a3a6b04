/** The end of a stream in the hardware video decoder: when it goes out, and which pictures are left then. */
module HwVdecEos {
  import opened Options
  import opened HwVdec
  import opened HwVdecConservation
  import opened HwVdecBlocks
  import opened HwVdecEndings

  // ---------- the waiting pictures at the end of a drain ----------

  /** How the waiting pictures end: all are taken off; one is met whose block is with the decoder; or the
      first of `left` stays, because its work's input is still read or the work cannot be reported yet. */
  datatype Ending = Through | AtDecoder | Kept(left: seq<Picture>)

  /** A block that is handed out at the end of a drain: what the client still shows, and what is bad, goes
      back to the decoder, anything else to the client. */
  function Passed(kind: Kind, b: Block, bad: bool): Block {
    if b.owner == Client || bad then b.(owner := Accelerator)
    else b.(owner := Client, loaded := b.loaded && kind.bufferQueue)
  }

  /** The work that gets the picture in block `b`. */
  function Served(w: Work, b: Block, bad: bool): Work {
    var drop := b.owner == Client || bad;
    w.(out := w.out.(drop := w.out.drop || drop, picture := w.out.picture || (!drop && b.loaded)))
  }

  function Marked(kind: Kind, ws: seq<Work>, current: Frame): (r: seq<Work>)
    ensures |r| == |ws|
  {
    if kind.vp9 then MarkNoShow(ws, current) else ws
  }

  /** The pictures are gone through in order. A picture of a work that is no longer pending goes with a
      clone of the last work, if there was one; any other goes when its work can be reported, which the last
      pending work cannot. */
  function Drained(kind: Kind, blocks: seq<Block>, pictures: seq<Picture>, pending: seq<Work>,
                   last: Option<Frame>): Ending
    decreases |pictures|
  {
    if pictures == [] then Through
    else
      var p, k, j := pictures[0], FindBlock(blocks, pictures[0].block), Find(pending, pictures[0].id);
      if k == |blocks| || blocks[k].owner == Accelerator then AtDecoder
      else if j == |pending| then
        match last
        case None => if |pictures| == 1 then Through else Kept(pictures[1..])
        case Some(f) =>
          Drained(kind, blocks[k := Passed(kind, blocks[k], p.bad)], pictures[1..], Marked(kind, pending, f), last)
      else if pending[j].input == Buffer then Kept(pictures)
      else if p.setOut then
        if Reportable(pending, j) then Drained(kind, blocks, pictures[1..], Without(pending, j), last)
        else Kept(pictures)
      else
        var w := pending[j];
        var ws := Marked(kind, pending[j := Served(w, blocks[k], p.bad)], w.frame);
        if Reportable(ws, j)
        then Drained(kind, blocks[k := Passed(kind, blocks[k], p.bad)], pictures[1..], Without(ws, j), Some(w.frame))
        else Kept(pictures)
  }

  /** At the end of a stream a work with its input done can be reported if it has its picture or needs none,
      and others are pending. */
  predicate Reportable(ws: seq<Work>, j: nat)
    requires j < |ws|
  {
    |ws| > 1 && (ws[j].frame.config || ws[j].out.drop || ws[j].out.picture)
  }

  function Staying(e: Ending): seq<Picture> { if e.Kept? then e.left else [] }

  function DrainedIn(kind: Kind, s: State): Ending {
    Drained(kind, s.pics.blocks, s.pics.pictures, s.works.pending, s.memory.last)
  }

  predicate SamePictures(a: seq<Picture>, b: seq<Picture>) {
    |a| == |b| && forall i :: 0 <= i < |a| ==> a[i].id == b[i].id && a[i].block == b[i].block
  }

  /** What the loop gives in terms of that ending. */
  predicate Matches(t: State, status: Status, e: Ending) {
    && (status == Fine <==> !e.AtDecoder?)
    && (status == Fine ==> SamePictures(t.pics.pictures, Staying(e)))
    && (status != Fine ==> t.mode.error)
  }

  lemma {:induction false} PlaceMatches(kind: Kind, s: State, k: nat, j: nat)
    requires k < |s.pics.blocks| && s.pics.pictures != [] && j < |s.works.pending|
    ensures var first, w, t := s.pics.pictures[0], s.works.pending[j], Place(kind, s, k, j);
            && t.pics.blocks == s.pics.blocks[k := Passed(kind, s.pics.blocks[k], first.bad)]
            && t.pics.pictures == [first.(setOut := true)] + s.pics.pictures[1..]
            && t.works.pending == Marked(kind, s.works.pending[j := Served(w, s.pics.blocks[k], first.bad)], w.frame)
            && t.memory.last == Some(w.frame) && t.mode == s.mode
  {
    hide MarkNoShow, NoShowIds;
  }

  lemma {:induction false} CloneMatches(kind: Kind, s: State, k: nat, last: Frame)
    requires k < |s.pics.blocks| && s.pics.pictures != []
    ensures var first, t := s.pics.pictures[0], Clone(kind, s, k, last);
            && t.pics.blocks == s.pics.blocks[k := Passed(kind, s.pics.blocks[k], first.bad)]
            && t.pics.pictures == s.pics.pictures && t.works.pending == Marked(kind, s.works.pending, last)
            && t.memory.last == s.memory.last && t.mode == s.mode
  {
    hide MarkNoShow, NoShowIds;
  }

  /** Reporting the work of the picture in front, which is pending with its input done. */
  lemma {:induction false} ConfirmMatches(s: State, j: nat)
    requires s.pics.pictures != [] && j == Find(s.works.pending, s.pics.pictures[0].id) < |s.works.pending|
    requires s.mode.pendingEos && s.works.pending[j].input != Buffer
    ensures var c := Confirm(s);
            if Reportable(s.works.pending, j) then
              && c.Go? && c.s.works.pending == Without(s.works.pending, j)
              && c.s.pics == s.pics.(pictures := s.pics.pictures[1..])
              && c.s.memory == s.memory && c.s.mode == s.mode
            else c == Halt(s, Fine)
  {
    hide Find;
  }

  lemma {:induction false} FindSameIds(a: seq<Work>, b: seq<Work>, id: int)
    requires |a| == |b| && forall i :: 0 <= i < |a| ==> a[i].frame == b[i].frame
    ensures Find(a, id) == Find(b, id)
    decreases |a|
  {
    if a != [] {
      FindSameIds(a[1..], b[1..], id);
    }
  }

  /** A round of the loop at the end of a drain, for a picture whose work is pending. */
  lemma {:induction false} WorkRound(kind: Kind, s: State, k: nat, j: nat)
    requires s.pics.pictures != [] && s.mode.pendingEos && !s.mode.error && s.mode.phase == Started
    requires k == FindBlock(s.pics.blocks, s.pics.pictures[0].block) < |s.pics.blocks|
    requires s.pics.blocks[k].owner != Accelerator
    requires j == Find(s.works.pending, s.pics.pictures[0].id) < |s.works.pending|
    requires s.works.pending[j].input != Buffer && !s.pics.pictures[0].setOut
    ensures var f := Front(kind, s, true);
            if f.Go? then DrainedIn(kind, f.s) == DrainedIn(kind, s) && f.s.mode == s.mode
            else f.status == Fine && DrainedIn(kind, s) == Kept(s.pics.pictures)
                 && SamePictures(f.s.pics.pictures, s.pics.pictures)
  {
    var t := Place(kind, s, k, j);
    PlaceMatches(kind, s, k, j);
    FindSameIds(s.works.pending, t.works.pending, s.pics.pictures[0].id);
    ConfirmMatches(t, j);
    assert Front(kind, s, true) == Confirm(t);
    hide Place, Confirm, Front, Find, FindBlock, MarkNoShow;
    assert t.pics.pictures[1..] == s.pics.pictures[1..];
  }

  /** Any other round. */
  lemma {:induction false} OtherRound(kind: Kind, s: State)
    requires s.pics.pictures != [] && s.mode.pendingEos && !s.mode.error && s.mode.phase == Started
    requires var k := FindBlock(s.pics.blocks, s.pics.pictures[0].block);
             var j := Find(s.works.pending, s.pics.pictures[0].id);
             k < |s.pics.blocks|
             && (s.pics.blocks[k].owner == Accelerator || j == |s.works.pending|
                 || s.works.pending[j].input == Buffer || s.pics.pictures[0].setOut)
    ensures var f := Front(kind, s, true);
            if f.Go? then DrainedIn(kind, f.s) == DrainedIn(kind, s) && f.s.mode == s.mode
            else Matches(f.s, f.status, DrainedIn(kind, s))
  {
    var first := s.pics.pictures[0];
    var k, j := FindBlock(s.pics.blocks, first.block), Find(s.works.pending, first.id);
    hide Clone, Confirm, MarkNoShow, Find, FindBlock;
    if s.pics.blocks[k].owner != Accelerator {
      if j == |s.works.pending| {
        if s.memory.last.Some? {
          CloneMatches(kind, s, k, s.memory.last.value);
        }
      } else if s.works.pending[j].input != Buffer {
        ConfirmMatches(s, j);
      }
    }
  }

  /** The loop at the end of a drain to the end of the stream. */
  lemma {:induction false} LoopMatches(kind: Kind, s: State)
    requires Live(s.pics) && s.mode.pendingEos && !s.mode.error && s.mode.phase == Started
    ensures var (t, status) := SendPictures(kind, s, true); Matches(t, status, DrainedIn(kind, s))
    decreases |s.pics.pictures|
  {
    hide Front, Drained, Matches;
    if s.pics.pictures != [] {
      var k := FindBlock(s.pics.blocks, s.pics.pictures[0].block);
      var j := Find(s.works.pending, s.pics.pictures[0].id);
      assert Known(s.pics.blocks, s.pics.pictures[0].block);
      FrontLive(kind, s, true);
      FrontMatches(kind, s, k, j);
      match Front(kind, s, true)
      case Halt(_, _) =>
      case Go(t) => LoopMatches(kind, t);
    } else {
      EmptyMatches(kind, s);
    }
  }

  lemma {:induction false} EmptyMatches(kind: Kind, s: State)
    requires s.pics.pictures == []
    ensures Matches(s, Fine, DrainedIn(kind, s))
  {
  }

  lemma {:induction false} FrontMatches(kind: Kind, s: State, k: nat, j: nat)
    requires s.pics.pictures != [] && s.mode.pendingEos && !s.mode.error && s.mode.phase == Started
    requires k == FindBlock(s.pics.blocks, s.pics.pictures[0].block) < |s.pics.blocks|
    requires j == Find(s.works.pending, s.pics.pictures[0].id)
    ensures var f := Front(kind, s, true);
            if f.Go? then DrainedIn(kind, f.s) == DrainedIn(kind, s) && f.s.mode == s.mode
            else Matches(f.s, f.status, DrainedIn(kind, s))
  {
    hide Front, Drained;
    if s.pics.blocks[k].owner != Accelerator && j < |s.works.pending| && s.works.pending[j].input != Buffer
       && !s.pics.pictures[0].setOut {
      WorkRound(kind, s, k, j);
    } else {
      OtherRound(kind, s);
    }
  }

  // ---------- when the end of a stream goes out ----------

  /** From `t` to `u` a work went out as the end of the stream, after all others, and none is pending. */
  predicate EosOut(t: State, u: State) {
    && |u.log.reported| > |t.log.reported| && u.log.reported[|u.log.reported| - 1].out.eos
    && !u.mode.pendingEos && u.works.pending == []
  }

  lemma {:induction false} ReportEosOut(t: State, s: State)
    requires s.mode.pendingEos && t.log.reported <= s.log.reported && s.mode.phase == Started
    ensures var u := ReportEos(s).0;
            && (EosOut(t, u) <==> s.works.pending != []) && u.pics == s.pics
            && (!EosOut(t, u) ==> u.mode.error && u.mode.pendingEos)
  {
  }

  lemma {:induction false} DrainDoneEos(kind: Kind, t: State)
    requires Live(t.pics) && t.mode.phase == Draining && t.mode.pendingEos
    ensures var u := OnDrainDone(kind, t);
            && (EosOut(t, u) <==> !t.mode.error && t.works.pending != [] && !DrainedIn(kind, t).AtDecoder?)
            && (EosOut(t, u) ==> SamePictures(u.pics.pictures, Staying(DrainedIn(kind, t))))
            && (!EosOut(t, u) ==> u.mode.error && u.mode.pendingEos)
  {
    if !t.mode.error {
      var v := t.(mode := Enter(t.mode, Started));
      var (s, status) := SendPictures(kind, v, true);
      LoopMatches(kind, v);
      SendPicturesKeepsLast(kind, v, true);
      SendPicturesKeeps(kind, v, true, 0);
      ReportEosOut(t, s);
      assert DrainedIn(kind, v) == DrainedIn(kind, t);
      assert OnDrainDone(kind, t) == if status == Fine then ReportEos(s).0 else s;
      hide SendPictures, Drained, ReportEos, OnDrainDone;
    }
  }

  lemma {:induction false} DrainingRun(kind: Kind, before: seq<Event>, events: seq<Event>)
    requires EosWaits(Run(kind, Initial, before))
    requires forall i :: 0 <= i < |events| ==> DuringDrain(events[i])
    ensures var s := Run(kind, Initial, before); var t := Run(kind, s, events);
            && Live(t.pics) && t.mode.phase == Draining && t.mode.pendingEos
            && (t.works.pending != [] <==> !TakesLast(kind, s, events))
  {
    var s := Run(kind, Initial, before);
    RunLive(kind, Initial, before);
    RunLive(kind, s, events);
    hide Run, TakesLast;
    DrainRun(kind, s, events);
  }

  /** In every run: when the decoder has drained to the end of the stream, a work goes out as its end, after
      all others, if and only if the component is not in error, the announcements have not taken all works,
      and no waiting picture is met whose block is with the decoder. Otherwise the component is in error. */
  lemma {:induction false} EosGoesOutIff(kind: Kind, before: seq<Event>, events: seq<Event>)
    requires EosWaits(Run(kind, Initial, before))
    requires forall i :: 0 <= i < |events| ==> DuringDrain(events[i])
    ensures var s := Run(kind, Initial, before); var t := Run(kind, s, events); var u := OnDrainDone(kind, t);
            && (EosOut(t, u) <==>
                  !t.mode.error && !TakesLast(kind, s, events) && !DrainedIn(kind, t).AtDecoder?)
            && (!EosOut(t, u) ==> u.mode.error && u.mode.pendingEos)
  {
    hide Run, TakesLast, OnDrainDone, Live, Drained, EosOut;
    DrainingRun(kind, before, events);
    DrainDoneEos(kind, Run(kind, Run(kind, Initial, before), events));
  }

  /** Once it has gone out, no picture waits exactly if the loop took all of them off. */
  lemma {:induction false} NoPictureWaitsIff(kind: Kind, before: seq<Event>, events: seq<Event>)
    requires EosWaits(Run(kind, Initial, before))
    requires forall i :: 0 <= i < |events| ==> DuringDrain(events[i])
    ensures var t := Run(kind, Run(kind, Initial, before), events); var u := OnDrainDone(kind, t);
            EosOut(t, u) ==> (u.pics.pictures == [] <==> DrainedIn(kind, t).Through?)
  {
    hide Run, OnDrainDone, Live, Drained, EosOut;
    DrainingRun(kind, before, events);
    var t := Run(kind, Run(kind, Initial, before), events);
    DrainDoneEos(kind, t);
    KeptSome(kind, t.pics.blocks, t.pics.pictures, t.works.pending, t.memory.last);
  }

  lemma {:induction false} KeptSome(kind: Kind, blocks: seq<Block>, pictures: seq<Picture>, pending: seq<Work>,
                                    last: Option<Frame>)
    ensures var e := Drained(kind, blocks, pictures, pending, last); e.Kept? ==> e.left != []
    decreases |pictures|
  {
    hide Find, FindBlock, MarkNoShow;
    if pictures != [] {
      var p, k, j := pictures[0], FindBlock(blocks, pictures[0].block), Find(pending, pictures[0].id);
      if k < |blocks| {
        var handed := blocks[k := Passed(kind, blocks[k], p.bad)];
        if j == |pending| {
          if last.Some? {
            KeptSome(kind, handed, pictures[1..], Marked(kind, pending, last.value), last);
          }
        } else if p.setOut {
          KeptSome(kind, blocks, pictures[1..], Without(pending, j), last);
        } else {
          var w := pending[j];
          var ws := Marked(kind, pending[j := Served(w, blocks[k], p.bad)], w.frame);
          KeptSome(kind, handed, pictures[1..], Without(ws, j), Some(w.frame));
        }
      }
    }
  }

  /** The picture of the last work stays behind when that work goes out as the end of the stream, and keeps
      every later change of format waiting. */
  lemma {:induction false} LastPictureStays(kind: Kind, t: State)
    requires Live(t.pics) && EosWaits(t) && !t.mode.error && |t.works.pending| == 1 && t.pics.pictures != []
    requires t.pics.pictures[0].id == BitstreamId(t.works.pending[0]) && t.works.pending[0].input != Buffer
    requires t.pics.blocks[FindBlock(t.pics.blocks, t.pics.pictures[0].block)].owner != Accelerator
    ensures var u := OnDrainDone(kind, t);
            && EosOut(t, u) && SamePictures(u.pics.pictures, t.pics.pictures)
            && forall c :: TryChangeFormat(kind, u, c) == u
  {
    DrainDoneEos(kind, t);
    assert DrainedIn(kind, t) == Kept(t.pics.pictures);
    hide OnDrainDone, Drained;
    var u := OnDrainDone(kind, t);
    forall c
      ensures TryChangeFormat(kind, u, c) == u
    {
      assert u.pics.pictures != [];
    }
  }

  // ---------- whose block is with the decoder ----------

  predicate WithDecoder(blocks: seq<Block>, p: Picture) {
    Known(blocks, p.block) && blocks[FindBlock(blocks, p.block)].owner == Accelerator
  }

  /** Each block holds one picture, and behind the picture in front none of these is with the decoder. */
  predicate Tidy(blocks: seq<Block>, pictures: seq<Picture>) {
    && (forall i, j :: 0 <= i < j < |pictures| ==> pictures[i].block != pictures[j].block)
    && (forall i :: 0 <= i < |pictures| ==> Known(blocks, pictures[i].block))
    && (forall i :: 1 <= i < |pictures| ==> !WithDecoder(blocks, pictures[i]))
  }

  lemma {:induction false} UpdateKeepsFind(blocks: seq<Block>, k: nat, b: Block, id: int)
    requires k < |blocks| && b.id == blocks[k].id
    ensures FindBlock(blocks[k := b], id) == FindBlock(blocks, id)
    decreases |blocks|
  {
    if k > 0 && blocks[0].id != id {
      assert blocks[k := b][1..] == blocks[1..][k - 1 := b];
      UpdateKeepsFind(blocks[1..], k - 1, b, id);
    }
  }

  lemma {:induction false} TidyBehind(blocks: seq<Block>, b: Block, pictures: seq<Picture>)
    requires Tidy(blocks, pictures) && pictures != []
    requires var k := FindBlock(blocks, pictures[0].block); b.id == blocks[k].id
    ensures var k := FindBlock(blocks, pictures[0].block); var rest := pictures[1..];
            Tidy(blocks[k := b], rest) && (rest != [] ==> !WithDecoder(blocks[k := b], rest[0]))
  {
    var k, rest := FindBlock(blocks, pictures[0].block), pictures[1..];
    forall i | 0 <= i < |rest|
      ensures Known(blocks[k := b], rest[i].block) && !WithDecoder(blocks[k := b], rest[i])
    {
      assert rest[i] == pictures[i + 1];
      UpdateKeepsFind(blocks, k, b, rest[i].block);
    }
  }

  /** Then the drain meets a picture whose block is with the decoder only in front: there it is one that was
      set out as bad, or as still shown, and could not be reported, being the last. */
  lemma {:induction false} OnlyTheFront(kind: Kind, blocks: seq<Block>, pictures: seq<Picture>, pending: seq<Work>,
                                        last: Option<Frame>)
    requires Tidy(blocks, pictures)
    ensures Drained(kind, blocks, pictures, pending, last).AtDecoder? <==>
              pictures != [] && WithDecoder(blocks, pictures[0])
    decreases |pictures|
  {
    hide Find, FindBlock, MarkNoShow;
    if pictures != [] && !WithDecoder(blocks, pictures[0]) {
      var p, k, j := pictures[0], FindBlock(blocks, pictures[0].block), Find(pending, pictures[0].id);
      assert Known(blocks, p.block);
      var b := Passed(kind, blocks[k], p.bad);
      TidyBehind(blocks, b, pictures);
      TidyBehind(blocks, blocks[k], pictures);
      assert blocks[k := blocks[k]] == blocks;
      if j == |pending| {
        if last.Some? {
          OnlyTheFront(kind, blocks[k := b], pictures[1..], Marked(kind, pending, last.value), last);
        }
      } else if p.setOut {
        OnlyTheFront(kind, blocks, pictures[1..], Without(pending, j), last);
      } else {
        var w := pending[j];
        var ws := Marked(kind, pending[j := Served(w, blocks[k], p.bad)], w.frame);
        OnlyTheFront(kind, blocks[k := b], pictures[1..], Without(ws, j), Some(w.frame));
      }
    }
  }

  // ---------- an input that keeps the end of a stream from going out ----------

  const ONE_BLOCK: Change := Change(true, Some(0), [0], false, false, false, false, true, true)

  const LAST_WORK: Work := Fresh(0, 1, Buffer, true)

  /** One block, and a work that ends the stream, with its input read. */
  function ReadToTheEnd(): seq<Event> {
    [Start(true)] + [FormatChanged(ONE_BLOCK)] + [QueueWork(LAST_WORK)] + [DequeueWork(true)] + [InputDone(1)]
  }

  lemma {:induction false} ReadState(kind: Kind)
    ensures var s := Run(kind, Initial, ReadToTheEnd());
            && s.mode == Mode(Draining, false, true, false, true, false) && s.memory == Initial.memory
            && s.pics == Pics([Block(0, Accelerator, true, true)], [], [], [], false)
            && |s.works.pending| == 1 && s.works.pending[0].frame == LAST_WORK.frame
            && s.works.pending[0].input == EmptySlot && s.works.pending[0].out == Out(false, false, false)
            && s.log.reported == []
  {
    var a := [Start(true)] + [FormatChanged(ONE_BLOCK)];
    RunAppend(kind, Initial, [], Start(true));
    assert [] + [Start(true)] == [Start(true)];
    RunAppend(kind, Initial, [Start(true)], FormatChanged(ONE_BLOCK));
    RunAppend(kind, Initial, a, QueueWork(LAST_WORK));
    RunAppend(kind, Initial, a + [QueueWork(LAST_WORK)], DequeueWork(true));
    RunAppend(kind, Initial, a + [QueueWork(LAST_WORK)] + [DequeueWork(true)], InputDone(1));
    hide Run;
    FirstFormat(kind);
    ReadLast(kind, Run(kind, Initial, a));
  }

  lemma {:induction false} FirstFormat(kind: Kind)
    ensures var s := Handle(kind, Handle(kind, Initial, Start(true)), FormatChanged(ONE_BLOCK));
            && s.mode == Mode(Started, false, false, false, true, false) && s.memory == Initial.memory
            && s.pics == Pics([Block(0, Accelerator, true, true)], [], [], [], false)
            && s.works == Initial.works && s.log == Initial.log
  {
    assert Fetched([0]) == [Block(0, Accelerator, true, true)];
    assert Resize([], 0) == [];
  }

  lemma {:induction false} ReadLast(kind: Kind, s: State)
    requires s.mode == Mode(Started, false, false, false, true, false)
    requires s.works == Initial.works && s.log == Initial.log
    ensures var t := Handle(kind, Handle(kind, Handle(kind, s, QueueWork(LAST_WORK)), DequeueWork(true)), InputDone(1));
            && t.mode == Mode(Draining, false, true, false, true, false) && t.memory == s.memory && t.pics == s.pics
            && |t.works.pending| == 1 && t.works.pending[0].frame == LAST_WORK.frame
            && t.works.pending[0].input == EmptySlot && t.works.pending[0].out == Out(false, false, false)
            && t.log.reported == []
  {
    var q := Handle(kind, s, QueueWork(LAST_WORK));
    assert |q.works.queue| == 1 && q.works.queue[0] == LAST_WORK.(drain := DrainWithEos);
    var d := Handle(kind, q, DequeueWork(true));
    assert d.works.pending == [Taken(q.works.queue[0])] && d.mode.phase == Draining && d.mode.pendingEos;
    assert Find(d.works.pending, 1) == 0;
  }

  lemma {:induction false} BadPictureState(kind: Kind, s: State)
    requires s.mode == Mode(Draining, false, true, false, true, false) && s.memory == Initial.memory
    requires s.pics == Pics([Block(0, Accelerator, true, true)], [], [], [], false)
    requires |s.works.pending| == 1 && s.works.pending[0].frame == LAST_WORK.frame
    requires s.works.pending[0].input == EmptySlot
    ensures var t := Handle(kind, s, PictureDone(0, 1, true));
            && t.mode == s.mode && t.log == s.log && |t.works.pending| == 1
            && t.pics.pictures == [Picture(1, 0, true, true)]
            && t.pics.blocks == [Block(0, Accelerator, true, true)]
  {
    var first := Picture(1, 0, true, false);
    var p := Keep(s, 0, first);
    assert FindBlock(s.pics.blocks, 0) == 0 && Find(s.works.pending, 1) == 0;
    assert p.pics.pictures == [first] && p.pics.blocks == [Block(0, Component, true, true)] && p.works == s.works;
    PlaceMatches(kind, p, 0, 0);
    var t := Place(kind, p, 0, 0);
    assert [first.(setOut := true)] + [first][1..] == [Picture(1, 0, true, true)];
    FindSameIds(p.works.pending, t.works.pending, 1);
    ConfirmMatches(t, 0);
    assert Front(kind, p, false) == Confirm(t);
    hide Front, Place, Confirm;
    assert SendPictures(kind, p, false) == (t, Fine);
  }

  /** The last work of a stream gets a picture that the decoder marks as bad: its block goes back to the
      decoder, the picture stays, and at the end of the drain nothing goes out. */
  lemma {:induction false} BadPictureWitness(kind: Kind)
    ensures var t := Run(kind, Initial, ReadToTheEnd() + [PictureDone(0, 1, true)]);
            var u := Run(kind, Initial, ReadToTheEnd() + [PictureDone(0, 1, true)] + [DrainDone]);
            && EosWaits(t) && !t.mode.error && DrainedIn(kind, t) == AtDecoder
            && u.mode.error && u.log.reported == [] && u.works.pending != []
  {
    var a := ReadToTheEnd();
    ReadState(kind);
    RunAppend(kind, Initial, a, PictureDone(0, 1, true));
    RunAppend(kind, Initial, a + [PictureDone(0, 1, true)], DrainDone);
    hide Run, ReadToTheEnd;
    var s := Run(kind, Initial, a);
    BadPictureState(kind, s);
    hide SendPictures;
    BadDrainDone(kind, Handle(kind, s, PictureDone(0, 1, true)));
  }

  lemma {:induction false} BadDrainDone(kind: Kind, t: State)
    requires EosWaits(t) && !t.mode.error && |t.pics.pictures| == 1 && t.pics.pictures[0].block == 0
    requires t.pics.blocks == [Block(0, Accelerator, true, true)]
    ensures var u := Handle(kind, t, DrainDone);
            && DrainedIn(kind, t) == AtDecoder
            && u.mode.error && u.log == t.log && u.works == t.works
  {
    assert FindBlock(t.pics.blocks, 0) == 0;
    var v := t.(mode := Enter(t.mode, Started));
    assert Front(kind, v, true) == Halt(ReportError(v), Bad);
    assert SendPictures(kind, v, true) == (ReportError(v), Bad);
  }
}
