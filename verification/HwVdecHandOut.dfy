/** In mid-stream the hardware video decoder hands pictures out as soon as it can: the loop over the waiting
    pictures stops only where one has to wait, and a picture that is ready goes out with its own work. */
module HwVdecHandOut {
  import opened Options
  import opened HwVdec
  import opened HwVdecConservation
  import opened HwVdecBlocks

  /** The client still shows the block of the picture in front, and has to be waited for. */
  predicate ShownStill(s: State, k: nat, drop: bool)
    requires k < |s.pics.blocks| && s.pics.pictures != []
  {
    s.pics.blocks[k].owner == Client && !drop && s.pics.pictures[0].block !in s.pics.undequeued
  }

  /** A work with its picture attached that cannot be reported: the last of a stream that ends, or one that has
      neither a picture nor a reason to go without. */
  predicate Unreportable(s: State, w: Work) {
    (s.mode.pendingEos && |s.works.pending| == 1) || !(w.frame.config || w.out.drop || w.out.picture)
  }

  /** Why the picture in front waits: its block is unknown or with the decoder; its work's input is being read; it
      has been handed out, but its work cannot be reported; or the client shows its block. */
  predicate Stuck(s: State, drop: bool)
    requires s.pics.pictures != []
  {
    var p := s.pics.pictures[0];
    var k, j := FindBlock(s.pics.blocks, p.block), Find(s.works.pending, p.id);
    || k == |s.pics.blocks| || s.pics.blocks[k].owner == Accelerator
    || (if j == |s.works.pending| then s.memory.last.Some? && ShownStill(s, k, drop)
        else || s.works.pending[j].input == Buffer
             || (if p.setOut then Unreportable(s, s.works.pending[j]) else ShownStill(s, k, drop)))
  }

  lemma {:induction false} FindSame(a: seq<Work>, b: seq<Work>, id: int)
    requires |a| == |b| && forall i :: 0 <= i < |a| ==> a[i].frame.index == b[i].frame.index
    ensures Find(a, id) == Find(b, id)
  {
    if a != [] {
      FindSame(a[1..], b[1..], id);
    }
  }

  /** What attaching a picture does to block and works. */
  lemma {:induction false} Placed(kind: Kind, s: State, k: nat, j: nat)
    requires k < |s.pics.blocks| && s.pics.pictures != [] && j < |s.works.pending|
    ensures var t := Place(kind, s, k, j);
            && |t.works.pending| == |s.works.pending| && t.mode == s.mode && t.log == s.log && t.memory.last.Some?
            && (forall i :: 0 <= i < |t.works.pending| ==>
                              && t.works.pending[i].frame == s.works.pending[i].frame
                              && t.works.pending[i].input == s.works.pending[i].input
                              && t.works.pending[i].id == s.works.pending[i].id)
            && t.pics.pictures == [s.pics.pictures[0].(setOut := true)] + s.pics.pictures[1..]
            && SameIds(s.pics.blocks, t.pics.blocks)
  {
    PlacePics(kind, s, k, j);
    HandSameIds(kind, s.pics, k, s.pics.pictures[0].block, s.pics.pictures[0].bad);
    hide HandBlock, NoShowIds;
  }

  /** A round that ends the loop leaves a picture in front that has to wait, unless it threw away the first picture
      of all because its work is gone. */
  lemma {:induction false} FrontStuck(kind: Kind, s: State, drop: bool)
    requires s.pics.pictures != [] && Front(kind, s, drop).Halt?
    ensures var t := Front(kind, s, drop).s;
            || (t.pics.pictures != [] && Stuck(t, drop))
            || (s.memory.last.None? && t.memory.last.None? && t.pics.pictures == s.pics.pictures[1..])
  {
    var p := s.pics.pictures[0];
    var k, j := FindBlock(s.pics.blocks, p.block), Find(s.works.pending, p.id);
    if k < |s.pics.blocks| && s.pics.blocks[k].owner != Accelerator && j < |s.works.pending|
       && s.works.pending[j].input != Buffer {
      if p.setOut {
        ConfirmStuck(s, j, drop);
      } else if !MustWait(s.pics, k, drop) {
        PlaceStuck(kind, s, k, j, drop);
      }
    }
    hide Place, Clone, Confirm;
  }

  lemma {:induction false} ConfirmStuck(s: State, j: nat, drop: bool)
    requires s.pics.pictures != [] && s.pics.pictures[0].setOut && j == Find(s.works.pending, s.pics.pictures[0].id)
    requires j < |s.works.pending| && s.works.pending[j].input != Buffer && Confirm(s).Halt?
    ensures Confirm(s).s == s && Stuck(s, drop)
  {
  }

  lemma {:induction false} PlaceStuck(kind: Kind, s: State, k: nat, j: nat, drop: bool)
    requires s.pics.pictures != [] && k < |s.pics.blocks| && j == Find(s.works.pending, s.pics.pictures[0].id)
    requires j < |s.works.pending| && s.works.pending[j].input != Buffer && Confirm(Place(kind, s, k, j)).Halt?
    ensures var t := Confirm(Place(kind, s, k, j)).s; t.pics.pictures != [] && Stuck(t, drop)
  {
    var t := Place(kind, s, k, j);
    Placed(kind, s, k, j);
    hide Place, Confirm, Stuck;
    FindSame(s.works.pending, t.works.pending, s.pics.pictures[0].id);
    ConfirmStuck(t, j, drop);
  }

  /** The loop goes on until no picture is left or the one in front has to wait; only the very first picture is
      thrown away when its work is gone, which ends the loop too. */
  lemma {:induction false} HandsOutAll(kind: Kind, s: State, drop: bool)
    ensures var t := SendPictures(kind, s, drop).0;
            || t.pics.pictures == [] || Stuck(t, drop)
            || (s.memory.last.None? && t.memory.last.None? && |t.pics.pictures| < |s.pics.pictures|)
    decreases |s.pics.pictures|
  {
    if s.pics.pictures != [] {
      match Front(kind, s, drop)
      case Halt(_, _) => FrontStuck(kind, s, drop);
      case Go(t) =>
        FrontLast(kind, s, drop);
        HandsOutAll(kind, t, drop);
    }
    hide Front, Stuck;
  }

  lemma {:induction false} FrontLast(kind: Kind, s: State, drop: bool)
    requires s.pics.pictures != [] && Front(kind, s, drop).Go?
    ensures s.memory.last.Some? ==> Front(kind, s, drop).s.memory.last.Some?
  {
    hide Place, Clone, HandBlock;
    var k, j := FindBlock(s.pics.blocks, s.pics.pictures[0].block), Find(s.works.pending, s.pics.pictures[0].id);
    if k < |s.pics.blocks| {
      if j < |s.works.pending| {
        Placed(kind, s, k, j);
      } else if s.memory.last.Some? {
        CloneKeepsLast(kind, s, k, s.memory.last.value);
      }
    }
  }

  lemma {:induction false} CloneKeepsLast(kind: Kind, s: State, k: nat, last: Frame)
    requires k < |s.pics.blocks| && s.pics.pictures != []
    ensures Clone(kind, s, k, last).memory.last == s.memory.last
  {
  }

  // ---------- what goes out ----------

  /** The picture in front can go out: it is new, the input of its work has been read, and the client is not to be
      waited for. */
  predicate Ready(s: State, drop: bool) {
    && s.pics.pictures != [] && !s.pics.pictures[0].setOut
    && var k, j := FindBlock(s.pics.blocks, s.pics.pictures[0].block), Find(s.works.pending, s.pics.pictures[0].id);
       && k < |s.pics.blocks| && s.pics.blocks[k].owner != Accelerator && !ShownStill(s, k, drop)
       && j < |s.works.pending| && s.works.pending[j].input != Buffer
  }

  /** It is shown unless it is bad or its block is with the client already; then it is dropped. */
  predicate Shows(s: State)
    requires s.pics.pictures != [] && Known(s.pics.blocks, s.pics.pictures[0].block)
  {
    s.pics.blocks[FindBlock(s.pics.blocks, s.pics.pictures[0].block)].owner == Component && !s.pics.pictures[0].bad
  }

  /** The blocks that were shown last, as many as before. */
  function NowShown(s: State): seq<int>
    requires s.pics.pictures != [] && Known(s.pics.blocks, s.pics.pictures[0].block)
  {
    if Shows(s) then (s.pics.undequeued + [s.pics.pictures[0].block])[1..] else s.pics.undequeued
  }

  /** The work as the client gets it. */
  function WithPicture(w: Work, picture: bool): Work {
    w.(out := Out(false, w.out.picture || picture, w.out.eos), result := Done)
  }

  lemma {:induction false} PlacedWork(kind: Kind, s: State, k: nat, j: nat)
    requires k < |s.pics.blocks| && s.pics.pictures != [] && j < |s.works.pending|
    requires FindBlock(s.pics.blocks, s.pics.pictures[0].block) == k && s.pics.blocks[k].owner != Accelerator
    ensures var t, b := Place(kind, s, k, j), s.pics.blocks[k];
            && Finished(t.works.pending[j]) == WithPicture(s.works.pending[j], Shows(s) && b.loaded)
            && (!Shows(s) ==> t.works.pending[j].out.drop)
            && (Shows(s) && b.loaded ==> t.works.pending[j].out.picture)
            && t.pics.blocks == s.pics.blocks[k := if Shows(s)
                                                   then b.(owner := Client, loaded := b.loaded && kind.bufferQueue)
                                                   else b.(owner := Accelerator)]
            && t.pics.undequeued == NowShown(s)
  {
  }

  /** A picture that is ready goes out: its work is reported with it - or, if it is dropped, without - the picture
      is taken off, and its block goes to the client, or back to the decoder. Only a work that ends a stream, being
      the last, is kept, with the picture attached. */
  lemma {:induction false} ReadyGoesOut(kind: Kind, s: State, drop: bool)
    requires Ready(s, drop)
    requires Shows(s) ==> s.pics.blocks[FindBlock(s.pics.blocks, s.pics.pictures[0].block)].loaded
    ensures var p := s.pics.pictures[0];
            var k, j := FindBlock(s.pics.blocks, p.block), Find(s.works.pending, p.id);
            var f := Front(kind, s, drop); var t, b := f.s, f.s.pics.blocks;
            && t.pics.undequeued == NowShown(s)
            && |b| == |s.pics.blocks| && b[k].owner == (if Shows(s) then Client else Accelerator)
            && (forall i :: 0 <= i < |b| && i != k ==> b[i] == s.pics.blocks[i])
            && if s.mode.pendingEos && |s.works.pending| == 1 then
                 f.Halt? && t.log == s.log && t.works.pending[0].frame == s.works.pending[0].frame
                 && t.pics.pictures == [s.pics.pictures[0].(setOut := true)] + s.pics.pictures[1..]
               else
                 && f.Go? && t.pics.pictures == s.pics.pictures[1..]
                 && t.log.reported == s.log.reported + [WithPicture(s.works.pending[j], Shows(s))]
  {
    var k, j := FindBlock(s.pics.blocks, s.pics.pictures[0].block), Find(s.works.pending, s.pics.pictures[0].id);
    var t := Place(kind, s, k, j);
    assert Front(kind, s, drop) == Confirm(t);
    Placed(kind, s, k, j);
    PlacedWork(kind, s, k, j);
    hide Place, Front, Finished, WithPicture, NowShown;
    FindSame(s.works.pending, t.works.pending, s.pics.pictures[0].id);
    assert t.pics.pictures[0].id == s.pics.pictures[0].id && t.pics.pictures[1..] == s.pics.pictures[1..];
  }

  /** A picture whose work is no longer pending goes out with a clone of the last work that got one. */
  lemma {:induction false} CloneGoesOut(kind: Kind, s: State, drop: bool)
    requires s.pics.pictures != [] && s.memory.last.Some? && Known(s.pics.blocks, s.pics.pictures[0].block)
    requires Find(s.works.pending, s.pics.pictures[0].id) == |s.works.pending|
    requires var k := FindBlock(s.pics.blocks, s.pics.pictures[0].block);
             s.pics.blocks[k].owner != Accelerator && !ShownStill(s, k, drop)
    ensures var k := FindBlock(s.pics.blocks, s.pics.pictures[0].block); var f := Front(kind, s, drop); var t := f.s;
            && f.Go? && t.log == s.log.(clones := s.log.clones + 1) && t.pics.pictures == s.pics.pictures[1..]
            && t.pics.blocks[k].owner == (if Shows(s) then Client else Accelerator) && t.mode == s.mode
            && |t.works.pending| == |s.works.pending|
  {
    hide MarkNoShow, NoShowIds;
  }
}
